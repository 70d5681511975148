/** What becomes of a job's failures, its delays and its completion over whole runs of the dead letter queue. */
module DlqRuns {

  import opened Dlq
  import opened Wrappers

  // ----- what a committed batch makes of its jobs -----

  /**
    A job of a batch is completed by an execution with its own payload; or, when its dispatch fails, it is
    due again later, or archived after its last try. None is left processing.
   */
  lemma AfterABatch(was: Queue, event: Event, q: Queue, id: JobId)
    requires Valid(was) && event.Run? && Step(was, event, q) && id in event.jobs
    ensures id in was.live && (id in q.live <==> id !in q.archive)
    ensures event.fate.outcome(was.live[id].payload).Ran? ==>
              && id in q.live && q.live[id].status == Done && q.live[id].execution.Some?
              && q.live[id].execution.value < |q.launched|
              && q.launched[q.live[id].execution.value].params == was.live[id].payload
    ensures event.fate.outcome(was.live[id].payload).Threw? && was.live[id].retryCount + 1 < was.live[id].maxRetries ==>
              && id in q.live && q.live[id].status == Pending
              && q.live[id].retryCount == was.live[id].retryCount + 1 && q.live[id].scheduledAt > event.fate.at(id)
    ensures event.fate.outcome(was.live[id].payload).Threw?
            && was.live[id].retryCount + 1 >= was.live[id].maxRetries ==>
              id in q.archive && q.archive[id].retryCount == was.live[id].maxRetries
  {
    assert Handled(was, q, id, event.fate);
    Pow2Positive(was.live[id].retryCount);
  }

  lemma {:induction false} Pow2Positive(n: int)
    ensures n >= 0 ==> Pow2(n) >= 1
  {
    if n > 0 {
      Pow2Positive(n - 1);
    }
  }

  /** A batch in which the job fails. */
  ghost predicate FailsInBatch(events: seq<Event>, queues: seq<Queue>, k: nat, id: JobId)
    requires k < |events| < |queues|
  {
    && events[k].Run? && Step(queues[k], events[k], queues[k + 1])
    && id in events[k].jobs && FailsAt(queues[k], events[k], id)
  }

  /** After `n` failures of `max` allowed: pending with as many on record, or archived. */
  predicate Tried(q: Queue, id: JobId, n: nat, max: int) {
    && n <= max
    && (n < max ==>
          && id in q.live && q.live[id].status == Pending
          && q.live[id].retryCount == n && q.live[id].maxRetries == max)
    && (n == max ==> id in q.archive && id !in q.live && q.archive[id].retryCount == n)
  }

  lemma TriedOnceMore(was: Queue, event: Event, q: Queue, id: JobId, n: nat, max: int)
    requires Valid(was) && event.Run? && Step(was, event, q) && id in event.jobs && FailsAt(was, event, id)
    requires Tried(was, id, n, max)
    ensures Valid(q) && Tried(q, id, n + 1, max)
  {
    BatchKeepsValid(was, q, event.jobs, event.pipeline, event.fate);
    AfterABatch(was, event, q, id);
    assert Handled(was, q, id, event.fate);
  }

  /**
    Batches in a row in which a new job fails: it can be taken again after each, with one more failure on
    record, until the last of its tries archives it.
   */
  lemma {:induction false} TriedUntilArchived(events: seq<Event>, queues: seq<Queue>, n: nat, id: JobId, max: int)
    requires |queues| == |events| + 1 && n <= |events| && Valid(queues[0]) && max >= 1 && Tried(queues[0], id, 0, max)
    requires forall k | 0 <= k < |events| :: FailsInBatch(events, queues, k, id)
    ensures Valid(queues[n]) && Tried(queues[n], id, n, max)
  {
    if n > 0 {
      TriedUntilArchived(events, queues, n - 1, id, max);
      assert FailsInBatch(events, queues, n - 1, id);
      TriedOnceMore(queues[n - 1], events[n - 1], queues[n], id, n - 1, max);
    }
  }

  // ----- a job's failures -----

  /** The dispatch of the job fails in a batch: one that is committed, or one that is rolled back. */
  predicate FailsAt(was: Queue, event: Event, id: JobId) {
    || (event.Run? && id in event.jobs && id in was.live && event.fate.outcome(was.live[id].payload).Threw?)
    || FailsUnrecorded(was, event, id)
    || (event.NowFails? && event.id == id)
  }

  predicate FailsUnrecorded(was: Queue, event: Event, id: JobId) {
    && event.RollsBack? && id in event.jobs && id in was.live
    && event.fates(was.live[id].pipeline).outcome(was.live[id].payload).Threw?
  }

  /** The handler of a manual failure of the job ends without a write. */
  predicate Abandons(was: Queue, event: Event, id: JobId) {
    event.NowStops? && event.t in was.flights && was.flights[event.t].id == id
  }

  /** How often a job fails in a run. */
  function Failures(events: seq<Event>, queues: seq<Queue>, id: JobId): nat
    requires |queues| == |events| + 1
  {
    if events == [] then 0
    else
      var n := |events| - 1;
      Failures(events[..n], queues[..n + 1], id) + if FailsAt(queues[n], events[n], id) then 1 else 0
  }

  /** The minutes by which an event puts a job off. */
  function Delay(was: Queue, event: Event, q: Queue, id: JobId): int {
    if id !in q.live then 0
    else if event.Run? && FailsAt(was, event, id) then q.live[id].scheduledAt - event.fate.at(id)
    else if event.NowWrites? && event.t in was.flights && was.flights[event.t].id == id
    then q.live[id].scheduledAt - event.now
    else 0
  }

  /** The minutes a job is put off in a run, added up. */
  function PutOff(events: seq<Event>, queues: seq<Queue>, id: JobId): int
    requires |queues| == |events| + 1
  {
    if events == [] then 0
    else
      var n := |events| - 1;
      PutOff(events[..n], queues[..n + 1], id) + Delay(queues[n], events[n], queues[n + 1], id)
  }

  /** The failures of a job that the tables know of. */
  function Recorded(q: Queue, id: JobId): int {
    if id in q.live then q.live[id].retryCount else if id in q.archive then q.archive[id].retryCount else 0
  }

  /** The manual failures of a job that are still to be written. */
  function FlightsOf(q: Queue, id: JobId): set<nat> {
    set t | t in q.flights && q.flights[t].id == id
  }

  ghost predicate Counted(q: Queue, id: JobId, failures: nat) {
    failures == Recorded(q, id) + |FlightsOf(q, id)|
  }

  /**
    A failure in a batch that is rolled back, one whose handler ends without a write, one that is read
    or written when its row is gone, or one written over a count that has moved on.
   */
  predicate Lossy(q: Queue, event: Event, id: JobId) {
    || FailsUnrecorded(q, event, id)
    || Abandons(q, event, id)
    || (event.NowReads? && event.t in q.flights && q.flights[event.t].id == id && id !in q.live)
    || (event.NowWrites? && event.t in q.flights && q.flights[event.t].id == id && q.flights[event.t].read.Some?
        && (id !in q.live || q.live[id].retryCount != q.flights[event.t].read.value.retryCount))
  }

  lemma FlightsChange(q: Queue, t: nat, id: JobId)
    requires t in q.flights
    ensures var landed := q.(flights := q.flights - {t});
            |FlightsOf(landed, id)| == |FlightsOf(q, id)| - if q.flights[t].id == id then 1 else 0
  {
    var landed := q.(flights := q.flights - {t});
    if q.flights[t].id == id {
      assert FlightsOf(landed, id) == FlightsOf(q, id) - {t};
    } else {
      assert FlightsOf(landed, id) == FlightsOf(q, id);
    }
  }

  lemma FlightsAdded(q: Queue, t: nat, f: Flight, id: JobId)
    requires t in q.flights ==> q.flights[t].id == f.id
    ensures |FlightsOf(q.(flights := q.flights[t := f]), id)|
            == |FlightsOf(q, id)| + if t !in q.flights && f.id == id then 1 else 0
  {
    var more := q.(flights := q.flights[t := f]);
    if f.id == id {
      assert FlightsOf(more, id) == FlightsOf(q, id) + {t};
    } else {
      assert FlightsOf(more, id) == FlightsOf(q, id);
    }
  }

  /** In one step a failure is counted on if and only if the step is not lossy. */
  lemma WhenAFailureIsLost(was: Queue, event: Event, q: Queue, id: JobId)
    requires Valid(was) && Step(was, event, q)
    ensures Recorded(q, id) + |FlightsOf(q, id)|
            == Recorded(was, id) + |FlightsOf(was, id)| + (if FailsAt(was, event, id) then 1 else 0)
            <==> !Lossy(was, event, id)
  {
    match event {
      case Run(_, _, _) => RecordedInBatch(was, event, q, id);
      case NowFails(t, j) => FlightsAdded(was, t, Flight(j, None), id);
      case NowReads(t) =>
        var j := was.flights[t].id;
        if j in was.live {
          FlightsAdded(was, t, Flight(j, Some(was.live[j])), id);
        } else {
          FlightsChange(was, t, id);
        }
      case NowStops(t) => FlightsChange(was, t, id);
      case NowWrites(t, _, _) =>
        assert FlightFits(was, was.flights[t]);
        RecordedInWrite(was, event, q, id);
      case _ => assert FlightsOf(q, id) == FlightsOf(was, id);
    }
  }

  lemma RecordedInWrite(was: Queue, event: Event, q: Queue, id: JobId)
    requires event.NowWrites? && Step(was, event, q) && FlightFits(was, was.flights[event.t])
    requires !(id in was.live && id in was.archive)
    ensures Recorded(q, id) + |FlightsOf(q, id)| == Recorded(was, id) + |FlightsOf(was, id)| <==> !Lossy(was, event, id)
  {
    FlightsChange(was, event.t, id);
    assert FlightsOf(q, id) == FlightsOf(was.(flights := was.flights - {event.t}), id);
  }

  lemma RecordedInBatch(was: Queue, event: Event, q: Queue, id: JobId)
    requires Valid(was) && event.Run? && Step(was, event, q)
    ensures Recorded(q, id) == Recorded(was, id) + if FailsAt(was, event, id) then 1 else 0
    ensures FlightsOf(q, id) == FlightsOf(was, id)
  {
    if id in event.jobs {
      assert Handled(was, q, id, event.fate);
    } else {
      assert Same(was, q, id);
    }
  }

  lemma Prefix(events: seq<Event>, queues: seq<Queue>, k: nat)
    requires IsRun(events, queues) && k <= |events|
    ensures IsRun(events[..k], queues[..k + 1])
  {
    var fewer, earlier := events[..k], queues[..k + 1];
    forall m | 0 <= m < k
      ensures Follows(fewer, earlier, m)
    {
      assert Follows(events, queues, m);
    }
  }

  /** The failures up to the k-th queue of a run. */
  function FailuresUpTo(events: seq<Event>, queues: seq<Queue>, k: nat, id: JobId): nat
    requires |queues| == |events| + 1 && k <= |events|
  {
    Failures(events[..k], queues[..k + 1], id)
  }

  lemma OneMoreFailure(events: seq<Event>, queues: seq<Queue>, k: nat, id: JobId)
    requires |queues| == |events| + 1 && k < |events|
    ensures FailuresUpTo(events, queues, k + 1, id)
            == FailuresUpTo(events, queues, k, id) + if FailsAt(queues[k], events[k], id) then 1 else 0
  {
    assert events[..k + 1][..k] == events[..k] && queues[..k + 2][..k + 1] == queues[..k + 1];
  }

  /** A job's failures are counted throughout a run if and only if none of its events is lossy for it. */
  lemma WhenFailuresAreCounted(events: seq<Event>, queues: seq<Queue>, id: JobId)
    requires IsRun(events, queues)
    ensures (forall k | 0 <= k <= |events| :: Counted(queues[k], id, FailuresUpTo(events, queues, k, id)))
            <==> forall k | 0 <= k < |events| :: !Lossy(queues[k], events[k], id)
  {
    if forall k | 0 <= k < |events| :: !Lossy(queues[k], events[k], id) {
      forall k | 0 <= k <= |events|
        ensures Counted(queues[k], id, FailuresUpTo(events, queues, k, id))
      {
        CountedWithoutLoss(events, queues, k, id);
      }
    } else {
      var k :| 0 <= k < |events| && Lossy(queues[k], events[k], id);
      ValidAlways(events, queues, k);
      assert Follows(events, queues, k);
      WhenAFailureIsLost(queues[k], events[k], queues[k + 1], id);
      OneMoreFailure(events, queues, k, id);
      assert !Counted(queues[k], id, FailuresUpTo(events, queues, k, id))
          || !Counted(queues[k + 1], id, FailuresUpTo(events, queues, k + 1, id));
    }
  }

  lemma {:induction false} CountedWithoutLoss(events: seq<Event>, queues: seq<Queue>, k: nat, id: JobId)
    requires IsRun(events, queues) && k <= |events|
    requires forall m | 0 <= m < k :: !Lossy(queues[m], events[m], id)
    ensures Counted(queues[k], id, FailuresUpTo(events, queues, k, id))
  {
    if k > 0 {
      CountedWithoutLoss(events, queues, k - 1, id);
      ValidAlways(events, queues, k - 1);
      assert Follows(events, queues, k - 1);
      WhenAFailureIsLost(queues[k - 1], events[k - 1], queues[k], id);
      OneMoreFailure(events, queues, k - 1, id);
    } else {
      assert FlightsOf(NoJobs, id) == {};
    }
  }

  /**
    Where no failure is lost or in flight, a job has failed less often than `max_retries` while live,
    and exactly so often once archived.
   */
  lemma RetryBound(events: seq<Event>, queues: seq<Queue>, k: nat, id: JobId)
    requires IsRun(events, queues) && k <= |events| && FlightsOf(queues[k], id) == {}
    requires forall m | 0 <= m < k :: !Lossy(queues[m], events[m], id)
    ensures id in queues[k].live ==> FailuresUpTo(events, queues, k, id) < queues[k].live[id].maxRetries
    ensures id in queues[k].archive ==> FailuresUpTo(events, queues, k, id) == queues[k].archive[id].maxRetries
  {
    CountedWithoutLoss(events, queues, k, id);
    ValidAlways(events, queues, k);
  }

  // ----- delays -----

  /** The total delay that belongs to a job's count. */
  ghost predicate DelaysFit(q: Queue, id: JobId, putOff: int) {
    && (id in q.live ==> q.live[id].retryCount >= 0 && putOff == 5 * (Pow2(q.live[id].retryCount) - 1))
    && (id in q.archive ==> q.archive[id].maxRetries >= 1 && putOff == 5 * (Pow2(q.archive[id].maxRetries - 1) - 1))
    && (id !in q.live && id !in q.archive ==> putOff == 0)
  }

  /** What `Valid` says of one job's count. */
  predicate Within(q: Queue, id: JobId) {
    && !(id in q.live && id in q.archive)
    && (id in q.live ==> 0 <= q.live[id].retryCount < q.live[id].maxRetries)
    && (id in q.archive ==> 1 <= q.archive[id].retryCount == q.archive[id].maxRetries)
  }

  lemma DelayInBatch(was: Queue, event: Event, q: Queue, id: JobId, putOff: int)
    requires Within(was, id) && Within(q, id) && event.Run? && Step(was, event, q) && DelaysFit(was, id, putOff)
    ensures DelaysFit(q, id, putOff + Delay(was, event, q, id))
  {
    if id in event.jobs {
      assert Handled(was, q, id, event.fate);
    } else {
      assert Same(was, q, id);
    }
  }

  lemma DelayInWrite(was: Queue, event: Event, q: Queue, id: JobId, putOff: int)
    requires Within(was, id) && Within(q, id) && event.NowWrites? && Step(was, event, q)
    requires FlightFits(was, was.flights[event.t]) && !Lossy(was, event, id) && DelaysFit(was, id, putOff)
    ensures DelaysFit(q, id, putOff + Delay(was, event, q, id))
  {
  }

  lemma DelayInStep(was: Queue, event: Event, q: Queue, id: JobId, putOff: int)
    requires Valid(was) && Valid(q) && Step(was, event, q) && !Lossy(was, event, id) && DelaysFit(was, id, putOff)
    ensures DelaysFit(q, id, putOff + Delay(was, event, q, id))
  {
    if event.Run? {
      DelayInBatch(was, event, q, id, putOff);
    } else if event.NowWrites? {
      assert FlightFits(was, was.flights[event.t]);
      DelayInWrite(was, event, q, id, putOff);
    } else if event.Schedule? {
      assert !(was.nextId in was.live || was.nextId in was.archive);
    }
  }

  /**
    The delays follow the count: after n failures a job has been put off 5, 10, 20, ... minutes,
    5 * (2^n - 1) in all, and an archived one 5 * (2^(max_retries - 1) - 1), as long as no failure is lost.
   */
  lemma {:induction false} DelaysFollowTheCount(events: seq<Event>, queues: seq<Queue>, id: JobId)
    requires IsRun(events, queues) && forall k | 0 <= k < |events| :: !Lossy(queues[k], events[k], id)
    ensures DelaysFit(queues[|events|], id, PutOff(events, queues, id))
  {
    if events != [] {
      var n := |events| - 1;
      Prefix(events, queues, n);
      DelaysFollowTheCount(events[..n], queues[..n + 1], id);
      ValidAlways(events, queues, n);
      ValidAlways(events, queues, n + 1);
      assert Follows(events, queues, n);
      DelayInStep(queues[n], events[n], queues[n + 1], id, PutOff(events[..n], queues[..n + 1], id));
    }
  }

  // ----- when nothing is lost -----

  /**
    No failure of the job comes while another of its failures is in flight, none is in a batch that is
    rolled back, and none is left by its handler.
   */
  predicate Undisturbed(q: Queue, event: Event, id: JobId) {
    && (FailsAt(q, event, id) ==> FlightsOf(q, id) == {})
    && !FailsUnrecorded(q, event, id) && !Abandons(q, event, id)
  }

  /** The one failure in flight has its row, at the count it was read at. */
  ghost predicate Grounded(q: Queue, id: JobId) {
    && (forall t, u | t in q.flights && u in q.flights && q.flights[t].id == id && q.flights[u].id == id :: t == u)
    && (forall t | t in q.flights && q.flights[t].id == id ::
          id in q.live && (q.flights[t].read.Some? ==> q.live[id].retryCount == q.flights[t].read.value.retryCount))
  }

  lemma GroundedInBatch(was: Queue, event: Event, q: Queue, id: JobId)
    requires event.Run? && Step(was, event, q) && Grounded(was, id) && Undisturbed(was, event, id)
    ensures Grounded(q, id)
  {
    assert forall t | t in was.flights && was.flights[t].id == id :: t in FlightsOf(was, id);
    if id in event.jobs {
      assert Handled(was, q, id, event.fate);
    } else {
      assert Same(was, q, id);
    }
  }

  lemma GroundedInFlight(was: Queue, event: Event, q: Queue, id: JobId)
    requires event.NowFails? || event.NowReads? || event.NowWrites? || event.NowStops?
    requires Step(was, event, q) && Grounded(was, id) && Undisturbed(was, event, id)
    ensures Grounded(q, id)
  {
    assert forall t | t in was.flights && was.flights[t].id == id :: t in FlightsOf(was, id);
  }

  lemma GroundedInStep(was: Queue, event: Event, q: Queue, id: JobId)
    requires Valid(was) && Step(was, event, q) && Grounded(was, id) && Undisturbed(was, event, id)
    ensures Grounded(q, id) && !Lossy(was, event, id)
  {
    if event.Run? {
      GroundedInBatch(was, event, q, id);
    } else if event.NowFails? || event.NowReads? || event.NowWrites? || event.NowStops? {
      GroundedInFlight(was, event, q, id);
    }
  }

  /** Where nothing else fails the job between a manual run's rollback and its failure write, nothing is lost. */
  lemma {:induction false} UndisturbedLosesNothing(events: seq<Event>, queues: seq<Queue>, k: nat, id: JobId)
    requires IsRun(events, queues) && k <= |events|
    requires forall m | 0 <= m < |events| :: Undisturbed(queues[m], events[m], id)
    ensures Grounded(queues[k], id) && (k < |events| ==> !Lossy(queues[k], events[k], id))
  {
    if k > 0 {
      UndisturbedLosesNothing(events, queues, k - 1, id);
      ValidAlways(events, queues, k - 1);
      assert Follows(events, queues, k - 1);
      GroundedInStep(queues[k - 1], events[k - 1], queues[k], id);
    }
    if k < |events| {
      ValidAlways(events, queues, k);
      assert Follows(events, queues, k);
      GroundedInStep(queues[k], events[k], queues[k + 1], id);
    }
  }

  /** The bound on a job's tries, while it is known. */
  function MaxRetriesOf(q: Queue, id: JobId): int
    requires id in q.live || id in q.archive
  {
    if id in q.live then q.live[id].maxRetries else q.archive[id].maxRetries
  }

  /** At every point of a run with no disturbed failure of the job, it has failed at most `max_retries` times. */
  lemma UndisturbedBound(events: seq<Event>, queues: seq<Queue>, k: nat, id: JobId)
    requires IsRun(events, queues) && k <= |events|
    requires forall m | 0 <= m < |events| :: Undisturbed(queues[m], events[m], id)
    requires id in queues[k].live || id in queues[k].archive
    ensures FailuresUpTo(events, queues, k, id) <= MaxRetriesOf(queues[k], id)
    ensures id in queues[k].archive ==> FailuresUpTo(events, queues, k, id) == MaxRetriesOf(queues[k], id)
  {
    forall m | 0 <= m < k
      ensures !Lossy(queues[m], events[m], id)
    {
      UndisturbedLosesNothing(events, queues, m, id);
    }
    CountedWithoutLoss(events, queues, k, id);
    ValidAlways(events, queues, k);
    UndisturbedLosesNothing(events, queues, k, id);
    OneFlightAtMost(queues[k], id);
  }

  lemma OneFlightAtMost(q: Queue, id: JobId)
    requires Grounded(q, id)
    ensures |FlightsOf(q, id)| <= 1 && (id !in q.live ==> FlightsOf(q, id) == {})
  {
    if t :| t in FlightsOf(q, id) {
      assert FlightsOf(q, id) == {t};
    }
  }

  // ----- runs in which a failure is lost, or a completed job runs again -----

  lemma Extended(events: seq<Event>, queues: seq<Queue>, event: Event, q: Queue, id: JobId)
    requires IsRun(events, queues) && Step(queues[|events|], event, q)
    ensures IsRun(events + [event], queues + [q])
    ensures Failures(events + [event], queues + [q], id)
            == Failures(events, queues, id) + if FailsAt(queues[|events|], event, id) then 1 else 0
  {
    var n := |events|;
    var more, later := events + [event], queues + [q];
    forall k | 0 <= k <= n
      ensures Follows(more, later, k)
    {
      assert k < n ==> Follows(events, queues, k);
    }
    assert (events + [event])[..n] == events && (queues + [q])[..n + 1] == queues;
  }

  /** One job is scheduled and run by hand; the run fails, is rolled back, and its failure is not yet written. */
  lemma ManualRunFails(payload: Payload, pipeline: string, maxRetries: int)
      returns (events: seq<Event>, queues: seq<Queue>)
    requires maxRetries >= 1
    ensures IsRun(events, queues) && |events| == 2 && Failures(events, queues, 0) == 1
    ensures queues[2] == Scheduled(NoJobs, payload, pipeline, 0, maxRetries, 0).(flights := map[0 := Flight(0, None)])
  {
    var first := Scheduled(NoJobs, payload, pipeline, 0, maxRetries, 0);
    var schedule := Schedule(payload, pipeline, 0, maxRetries, 0);
    Extended([], [NoJobs], schedule, first, 0);
    events, queues := [schedule], [NoJobs, first];
    assert events == [] + [schedule] && queues == [NoJobs] + [first];
    var flying := first.(flights := map[0 := Flight(0, None)]);
    Extended(events, queues, NowFails(0, 0), flying, 0);
    events, queues := events + [NowFails(0, 0)], queues + [flying];
  }

  /** A poll takes the job and fails it while a manual failure is in flight: two failures are counted as one. */
  lemma TwoCountAsOne(payload: Payload, pipeline: string, error: string)
      returns (events: seq<Event>, queues: seq<Queue>)
    ensures IsRun(events, queues) && |events| == 5 && Failures(events, queues, 0) == 2
    ensures 0 in queues[5].live && queues[5].live[0].retryCount == 1 && queues[5].live[0].maxRetries == 2
    ensures queues[5].live[0].status.Pending? && queues[5].live[0].pipeline == pipeline
  {
    events, queues := ManualRunFails(payload, pipeline, 2);
    var again := NowReads(0);
    var poll := Run([0], pipeline, Alone(Threw(error), 5));
    var read := ReadAgain(queues[2], 0);
    Extended(events, queues, again, read, 0);
    events, queues := events + [again], queues + [read];
    var failed := Failed(read, 0, error, 5);
    ValidAlways(events, queues, 3);
    OneJobBatch(read, failed, 0, Threw(error), 5);
    Extended(events, queues, poll, failed, 0);
    events, queues := events + [poll], queues + [failed];
    var write := NowWrites(0, error, 6);
    var written := WrittenLate(failed, 0, error, 6);
    Extended(events, queues, write, written, 0);
    events, queues := events + [write], queues + [written];
  }

  /** So a job with two tries can fail three times. */
  lemma ThreeFailuresOfTwo(payload: Payload, pipeline: string, error: string)
      returns (events: seq<Event>, queues: seq<Queue>)
    ensures IsRun(events, queues)
    ensures 0 in queues[|events|].archive && MaxRetriesOf(queues[|events|], 0) == 2
    ensures Failures(events, queues, 0) == 3
  {
    events, queues := TwoCountAsOne(payload, pipeline, error);
    var last := Run([0], pipeline, Alone(Threw(error), 12));
    var archived := Failed(queues[5], 0, error, 12);
    ValidAlways(events, queues, 5);
    OneJobBatch(queues[5], archived, 0, Threw(error), 12);
    Extended(events, queues, last, archived, 0);
    events, queues := events + [last], queues + [archived];
  }

  /**
    Polls that are rolled back, one after the other: the job stays as it was, pending, due and with no
    failure on record, however often it has failed, or however many executions were created for it.
   */
  lemma {:induction false} RolledBackEachTime(
      payload: Payload, pipeline: string, maxRetries: int, outcome: Outcome, n: nat)
      returns (events: seq<Event>, queues: seq<Queue>)
    requires maxRetries >= 1
    ensures IsRun(events, queues) && |events| == n + 1
    ensures queues[n + 1].live == Scheduled(NoJobs, payload, pipeline, 0, maxRetries, 0).live
    ensures queues[n + 1].flights == map[]
    ensures if outcome.Threw? then Failures(events, queues, 0) == n else |queues[n + 1].launched| == n
  {
    if n == 0 {
      var first := Scheduled(NoJobs, payload, pipeline, 0, maxRetries, 0);
      var schedule := Schedule(payload, pipeline, 0, maxRetries, 0);
      Extended([], [NoJobs], schedule, first, 0);
      events, queues := [] + [schedule], [NoJobs] + [first];
    } else {
      events, queues := RolledBackEachTime(payload, pipeline, maxRetries, outcome, n - 1);
      var was := queues[n];
      var launches := if outcome.Ran? then [Launch(pipeline, payload, [0])] else [];
      var poll := RollsBack([0], _ => Alone(outcome, n), launches);
      var q := was.(launched := was.launched + launches);
      assert was.live.Keys == {0};
      Extended(events, queues, poll, q, 0);
      events, queues := events + [poll], queues + [q];
    }
  }

  /** A poll completes the job while a manual failure is in flight, and the failure puts it back to pending. */
  lemma CompletedThenPending(payload: Payload, pipeline: string, error: string)
      returns (events: seq<Event>, queues: seq<Queue>)
    ensures IsRun(events, queues) && |events| == 5
    ensures 0 in queues[3].live && queues[3].live[0].status.Done?
    ensures 0 in queues[5].live && queues[5].live[0].status.Pending?
  {
    events, queues := ManualRunFails(payload, pipeline, 2);
    var before := queues[2];
    var poll := Run([0], pipeline, Alone(Ran, 5));
    var done := Finished(before, 0, 0).(launched := [Launch(pipeline, payload, [0])]);
    ValidAlways(events, queues, 2);
    assert done.launched == before.launched + [Launch(pipeline, payload, [0])];
    OneJobBatch(before, done, 0, Ran, 5);
    Extended(events, queues, poll, done, 0);
    events, queues := events + [poll], queues + [done];
    var read := ReadAgain(done, 0);
    Extended(events, queues, NowReads(0), read, 0);
    events, queues := events + [NowReads(0)], queues + [read];
    var written := WrittenLate(read, 0, error, 6);
    Extended(events, queues, NowWrites(0, error, 6), written, 0);
    events, queues := events + [NowWrites(0, error, 6)], queues + [written];
  }

  predicate IsDone(q: Queue, id: JobId) {
    id in q.live && q.live[id].status.Done?
  }

  /**
    A completed job stops being one exactly by a late write: of a cancellation that found it pending, or
    of a manual failure that read another status than pending or that archives.
   */
  lemma WhenACompletedJobIsUndone(was: Queue, event: Event, q: Queue, id: JobId)
    requires Valid(was) && Step(was, event, q) && IsDone(was, id)
    ensures !IsDone(q, id) <==>
              || (event.CancelWrites? && event.id == id)
              || (event.NowWrites? && was.flights[event.t].id == id
                  && (LastTry(was.flights[event.t].read.value) || !was.flights[event.t].read.value.status.Pending?))
  {
    match event {
      case Run(jobs, _, _) => assert id !in jobs && Same(was, q, id);
      case Schedule(_, _, _, _, _) => assert was.nextId !in was.live;
      case _ =>
    }
  }

  /** No batch takes the job while one of its manual failures or cancellations is under way. */
  predicate Untaken(q: Queue, event: Event, id: JobId) {
    event.Run? && id in event.jobs ==> FlightsOf(q, id) == {} && id !in q.cancels
  }

  /** A completed job has nothing late under way. */
  predicate Quiet(q: Queue, id: JobId) {
    IsDone(q, id) ==> FlightsOf(q, id) == {} && id !in q.cancels
  }

  lemma QuietInStep(was: Queue, event: Event, q: Queue, id: JobId)
    requires was.nextId !in was.live && Step(was, event, q) && Untaken(was, event, id) && Quiet(was, id)
    ensures Quiet(q, id)
  {
    match event {
      case Run(jobs, _, _) =>
        if id !in jobs {
          assert Same(was, q, id);
        }
        assert FlightsOf(q, id) == FlightsOf(was, id);
      case NowFails(_, _) => QuietInFlight(was, event, q, id);
      case NowReads(_) => QuietInFlight(was, event, q, id);
      case NowWrites(_, _, _) => QuietInFlight(was, event, q, id);
      case NowStops(_) => QuietInFlight(was, event, q, id);
      case _ => assert FlightsOf(q, id) == FlightsOf(was, id);
    }
  }

  lemma QuietInFlight(was: Queue, event: Event, q: Queue, id: JobId)
    requires event.NowFails? || event.NowReads? || event.NowWrites? || event.NowStops?
    requires Step(was, event, q) && Quiet(was, id)
    ensures Quiet(q, id)
  {
    if event.NowFails? {
      FlightsAdded(was, event.t, Flight(event.id, None), id);
    } else {
      assert forall t | t in q.flights && q.flights[t].id == id :: t in FlightsOf(was, id);
    }
  }

  lemma {:induction false} QuietAlways(events: seq<Event>, queues: seq<Queue>, k: nat, id: JobId)
    requires IsRun(events, queues) && k <= |events|
    requires forall m | 0 <= m < |events| :: Untaken(queues[m], events[m], id)
    ensures Quiet(queues[k], id)
  {
    if k > 0 {
      QuietAlways(events, queues, k - 1, id);
      ValidAlways(events, queues, k - 1);
      assert Follows(events, queues, k - 1);
      QuietInStep(queues[k - 1], events[k - 1], queues[k], id);
    }
  }

  /** In a run where the job is never so taken, once completed it stays completed, and so never runs again. */
  lemma {:induction false} CompletedForGood(events: seq<Event>, queues: seq<Queue>, i: nat, k: nat, id: JobId)
    requires IsRun(events, queues) && i <= k <= |events|
    requires forall m | 0 <= m < |events| :: Untaken(queues[m], events[m], id)
    requires IsDone(queues[i], id)
    ensures IsDone(queues[k], id)
  {
    if i < k {
      CompletedForGood(events, queues, i, k - 1, id);
      QuietAlways(events, queues, k - 1, id);
      ValidAlways(events, queues, k - 1);
      assert Follows(events, queues, k - 1);
      DoneInStep(queues[k - 1], events[k - 1], queues[k], id);
    }
  }

  lemma DoneInStep(was: Queue, event: Event, q: Queue, id: JobId)
    requires Valid(was) && Step(was, event, q) && IsDone(was, id) && Quiet(was, id)
    ensures IsDone(q, id)
  {
    WhenACompletedJobIsUndone(was, event, q, id);
    assert forall t | t in was.flights && was.flights[t].id == id :: t in FlightsOf(was, id);
  }
}
