/** The scheduler's transactions on the dead letter queue, updating its tables in place. */
module DlqScheduler {

  import opened Dlq
  import opened Grouping
  import opened Wrappers

  /** The jobs of a batch, some handled, the others marked as processing. */
  ghost predicate Progress(was: Queue, q: Queue, jobs: seq<JobId>, handled: set<JobId>, fate: Fate) {
    && (forall id | id in jobs :: id in was.live && was.live[id].retryCount >= 0)
    && (forall id | id in jobs && id in handled :: Handled(was, q, id, fate))
    && (forall id | id in jobs && id !in handled :: Untried(was, q, id))
    && (forall id: JobId | id !in jobs :: Same(was, q, id))
    && q.nextId == was.nextId && q.flights == was.flights && q.cancels == was.cancels
    && was.launched <= q.launched
    && forall e | |was.launched| <= e < |q.launched| :: OnePayload(was, q.launched[e], jobs)
  }

  ghost predicate Untried(was: Queue, q: Queue, id: JobId)
    requires id in was.live
  {
    id !in q.archive && id in q.live && q.live[id] == was.live[id].(status := Processing)
  }

  lemma FailProgress(was: Queue, q: Queue, jobs: seq<JobId>, handled: set<JobId>, fate: Fate, id: JobId)
    requires Progress(was, q, jobs, handled, fate) && id in jobs && id !in handled
    requires fate.outcome(was.live[id].payload).Threw?
    ensures Untried(was, q, id)
    ensures Progress(was, Dlq.Failed(q, id, fate.outcome(was.live[id].payload).error, fate.at(id)),
                     jobs, handled + {id}, fate)
  {
    assert Untried(was, q, id);
    var after := Dlq.Failed(q, id, fate.outcome(was.live[id].payload).error, fate.at(id));
    forall other: JobId | other != id
      ensures Same(q, after, other)
    {
    }
    OthersKept(was, q, after, jobs, handled, fate, id);
  }

  lemma FinishProgress(was: Queue, q: Queue, jobs: seq<JobId>, handled: set<JobId>, fate: Fate, id: JobId, e: nat)
    requires Progress(was, q, jobs, handled, fate) && id in jobs && id !in handled
    requires fate.outcome(was.live[id].payload).Ran?
    requires |was.launched| <= e < |q.launched| && id in q.launched[e].jobs
    requires q.launched[e].pipeline == was.live[id].pipeline && q.launched[e].params == was.live[id].payload
    ensures Untried(was, q, id)
    ensures Progress(was, Finished(q, id, e), jobs, handled + {id}, fate)
  {
  }

  lemma OthersKept(
      was: Queue, q: Queue, after: Queue, jobs: seq<JobId>, handled: set<JobId>, fate: Fate, id: JobId)
    requires Progress(was, q, jobs, handled, fate) && id in jobs
    requires forall other: JobId | other != id :: Same(q, after, other)
    requires Handled(was, after, id, fate) && after == q.(live := after.live, archive := after.archive)
    ensures Progress(was, after, jobs, handled + {id}, fate)
  {
    forall other: JobId | other != id
      ensures other !in jobs ==> Same(was, after, other)
      ensures other in jobs ==>
                if other in handled then Handled(was, after, other, fate) else Untried(was, after, other)
    {
      assert Same(q, after, other);
      if other !in jobs {
        assert Same(was, q, other);
      } else if other in handled {
        assert Handled(was, q, other, fate);
      } else {
        assert Untried(was, q, other);
      }
    }
  }

  lemma LaunchProgress(was: Queue, q: Queue, jobs: seq<JobId>, handled: set<JobId>, fate: Fate, launch: Launch)
    requires Progress(was, q, jobs, handled, fate) && OnePayload(was, launch, jobs)
    ensures Progress(was, q.(launched := q.launched + [launch]), jobs, handled, fate)
  {
  }

  lemma {:induction false} SelectedDistinct<T, K>(items: seq<T>, key: T -> K, k: K)
    requires forall i, j | 0 <= i < j < |items| :: items[i] != items[j]
    ensures forall i, j | 0 <= i < j < |Selected(items, key, k)| ::
              Selected(items, key, k)[i] != Selected(items, key, k)[j]
  {
    if items != [] {
      var n := |items| - 1;
      SelectedDistinct(items[..n], key, k);
      SelectedSeen(items[..n], key, k);
    }
  }

  ghost predicate Distinct<T>(items: seq<T>) {
    forall i, k | 0 <= i < k < |items| :: items[i] != items[k]
  }

  lemma GroupFacts<T, K>(items: seq<T>, key: T -> K, groups: seq<seq<T>>, g: nat)
    requires IsGrouping(items, key, groups) && Distinct(items) && g < |groups|
    ensures groups[g] != [] && Distinct(groups[g])
    ensures forall x :: x in groups[g] <==> x in items && key(x) == FirstSeen(items, key)[g]
    ensures FirstSeen(items, key)[g] !in FirstSeen(items, key)[..g]
  {
    SelectedSeen(items, key, FirstSeen(items, key)[g]);
    SelectedDistinct(items, key, FirstSeen(items, key)[g]);
    FirstSeenDistinct(items, key);
  }

  /** The keys are those of the items. */
  lemma KeysOfItems<T, K>(items: seq<T>, key: T -> K)
    ensures forall x | x in items :: key(x) in FirstSeen(items, key)
    ensures forall k | k in FirstSeen(items, key) :: exists x :: x in items && key(x) == k
  {
  }

  function Members<T>(items: seq<T>): set<T> {
    set x | x in items
  }

  lemma OneMoreMember<T>(items: seq<T>, i: nat)
    requires i < |items| && Distinct(items)
    ensures Members(items[..i + 1]) == Members(items[..i]) + {items[i]}
    ensures items[i] !in Members(items[..i]) && items[i] in items
    ensures i + 1 == |items| ==> Members(items[..i + 1]) == Members(items)
  {
  }

  /** A group that is next: all the jobs with the payload of its first, none handled yet. */
  ghost predicate IsNext(was: Queue, jobs: seq<JobId>, handled: set<JobId>, group: seq<JobId>, pipeline: string) {
    && group != [] && Distinct(group) && Members(group) !! handled
    && (forall id | id in jobs :: id in was.live && was.live[id].pipeline == pipeline)
    && group[0] in jobs
    && forall id: JobId :: id in group <==> id in jobs && was.live[id].payload == was.live[group[0]].payload
  }

  function PayloadIn(rows: map<JobId, DlqJob>): JobId -> Payload {
    (id: JobId) => if id in rows then rows[id].payload else Payload("{}")
  }

  function With(jobs: seq<JobId>, payload: JobId -> Payload, keys: seq<Payload>): set<JobId> {
    set id | id in jobs && payload(id) in keys
  }

  /** What a batch needs of its own jobs. */
  ghost predicate Ready(q: Queue, jobs: seq<JobId>, pipeline: string) {
    Distinct(jobs) && forall id | id in jobs :: IsReady(q, id, pipeline)
  }

  ghost predicate IsReady(q: Queue, id: JobId, pipeline: string) {
    id in q.live && id !in q.archive && q.live[id].retryCount >= 0 && q.live[id].pipeline == pipeline
  }

  lemma TakesReady(q: Queue, jobs: seq<JobId>, pipeline: string)
    requires Takes(q, jobs, pipeline)
    ensures Ready(q, jobs, pipeline)
  {
  }

  lemma NextGroup(was: Queue, jobs: seq<JobId>, pipeline: string, groups: seq<seq<JobId>>, g: nat)
    requires Ready(was, jobs, pipeline) && IsGrouping(jobs, PayloadIn(was.live), groups) && g < |groups|
    ensures var payload, keys := PayloadIn(was.live), FirstSeen(jobs, PayloadIn(was.live));
            && IsNext(was, jobs, With(jobs, payload, keys[..g]), groups[g], pipeline)
            && payload(groups[g][0]) == keys[g]
  {
    var payload, keys := PayloadIn(was.live), FirstSeen(jobs, PayloadIn(was.live));
    GroupFacts(jobs, payload, groups, g);
    var group := groups[g];
    assert group[0] in group;
    forall id | id in jobs
      ensures id in was.live && was.live[id].pipeline == pipeline && payload(id) == was.live[id].payload
    {
      assert IsReady(was, id, pipeline);
    }
    forall id: JobId
      ensures id in group <==> id in jobs && was.live[id].payload == was.live[group[0]].payload
    {
      assert id in group <==> id in jobs && payload(id) == keys[g];
    }
  }

  lemma WithOneMore(jobs: seq<JobId>, payload: JobId -> Payload, groups: seq<seq<JobId>>, g: nat)
    requires Distinct(jobs) && IsGrouping(jobs, payload, groups) && g < |groups|
    ensures var keys := FirstSeen(jobs, payload);
            && With(jobs, payload, keys[..g + 1]) == With(jobs, payload, keys[..g]) + Members(groups[g])
            && keys[..g + 1] == keys[..g] + [keys[g]]
  {
    var keys := FirstSeen(jobs, payload);
    GroupFacts(jobs, payload, groups, g);
    assert keys[..g + 1] == keys[..g] + [keys[g]];
    forall id: JobId
      ensures id in With(jobs, payload, keys[..g + 1])
              <==> id in With(jobs, payload, keys[..g]) || id in Members(groups[g])
    {
    }
  }

  /** The error of the last payload whose group could not be dispatched. */
  function LastError(fate: Fate, keys: seq<Payload>): Option<string> {
    if keys == [] then None
    else
      var outcome := fate.outcome(keys[|keys| - 1]);
      if outcome.Threw? then Some(outcome.error) else LastError(fate, keys[..|keys| - 1])
  }

  /** How many of the payloads have their group dispatched. */
  function RanCount(fate: Fate, keys: seq<Payload>): nat {
    if keys == [] then 0
    else RanCount(fate, keys[..|keys| - 1]) + if fate.outcome(keys[|keys| - 1]).Ran? then 1 else 0
  }

  lemma Marked(
      was: Queue, q: Queue, jobs: seq<JobId>, pipeline: string, fate: Fate, payload: JobId -> Payload,
      keys: seq<Payload>)
    requires Ready(was, jobs, pipeline) && q.live.Keys == was.live.Keys && q == was.(live := q.live)
    requires forall id | id in q.live ::
               q.live[id] == if id in jobs then was.live[id].(status := Processing) else was.live[id]
    ensures Progress(was, q, jobs, With(jobs, payload, keys[..0]), fate)
  {
  }

  lemma OneMoreKey(fate: Fate, keys: seq<Payload>, g: nat)
    requires g < |keys|
    ensures var outcome := fate.outcome(keys[g]);
            && RanCount(fate, keys[..g + 1]) == RanCount(fate, keys[..g]) + (if outcome.Ran? then 1 else 0)
            && LastError(fate, keys[..g + 1])
               == if outcome.Threw? then Some(outcome.error) else LastError(fate, keys[..g])
  {
    assert keys[..g + 1][..g] == keys[..g];
  }

  /** Nothing is dispatched exactly if every payload fails, and there is an error unless none does. */
  lemma {:induction false} ReportsOnPayloads(fate: Fate, keys: seq<Payload>)
    ensures RanCount(fate, keys) == 0 <==> forall k | k in keys :: fate.outcome(k).Threw?
    ensures LastError(fate, keys).None? <==> forall k | k in keys :: fate.outcome(k).Ran?
  {
    if keys != [] {
      var n := |keys| - 1;
      ReportsOnPayloads(fate, keys[..n]);
      assert keys == keys[..n] + [keys[n]];
    }
  }

  lemma AllGroupsHandled(was: Queue, q: Queue, jobs: seq<JobId>, pipeline: string, fate: Fate)
    requires var payload := PayloadIn(was.live);
             Progress(was, q, jobs, With(jobs, payload, FirstSeen(jobs, payload)), fate)
    ensures Batched(was, q, jobs, fate)
  {
    KeysOfItems(jobs, PayloadIn(was.live));
  }

  /** What running a pipeline's jobs now comes to. */
  datatype Dispatch = Dispatched(count: nat, executions: seq<nat>) | Raised(error: string)

  datatype OneDispatch = NotFound | NotPending | RanIn(execution: nat) | Failed(error: string)

  /** How many jobs have a payload that is dispatched. */
  function RanJobs(rows: map<JobId, DlqJob>, fate: Fate, jobs: seq<JobId>): nat {
    if jobs == [] then 0
    else
      var last := jobs[|jobs| - 1];
      RanJobs(rows, fate, jobs[..|jobs| - 1])
      + if last in rows && fate.outcome(rows[last].payload).Ran? then 1 else 0
  }

  /** The members of a list that have a property. */
  function Those<T(==)>(items: seq<T>, good: T -> bool): set<T> {
    set x | x in items && good(x)
  }

  lemma OneMoreOfThose<T>(items: seq<T>, good: T -> bool, n: nat)
    requires n + 1 == |items| && Distinct(items)
    ensures |Those(items, good)| == |Those(items[..n], good)| + if good(items[n]) then 1 else 0
  {
    assert items == items[..n] + [items[n]];
    assert items[n] !in Those(items[..n], good);
    assert Those(items, good) == Those(items[..n], good) + if good(items[n]) then {items[n]} else {};
  }

  /** Each payload that is dispatched is counted once. */
  lemma {:induction false} RanCountIs(fate: Fate, keys: seq<Payload>)
    requires Distinct(keys)
    ensures RanCount(fate, keys) == |Those(keys, (k: Payload) => fate.outcome(k).Ran?)|
  {
    if keys != [] {
      RanCountIs(fate, keys[..|keys| - 1]);
      OneMoreOfThose(keys, (k: Payload) => fate.outcome(k).Ran?, |keys| - 1);
    }
  }

  /** The error is that of the last payload that fails. */
  lemma {:induction false} LastErrorIs(fate: Fate, keys: seq<Payload>, last: nat)
    requires last < |keys| && fate.outcome(keys[last]).Threw?
    requires forall g | last < g < |keys| :: fate.outcome(keys[g]).Ran?
    ensures LastError(fate, keys) == Some(fate.outcome(keys[last]).error)
  {
    if last < |keys| - 1 {
      LastErrorIs(fate, keys[..|keys| - 1], last);
    }
  }

  /** Whether a job is completed. */
  function DoneIn(rows: map<JobId, DlqJob>): JobId -> bool {
    (id: JobId) => id in rows && rows[id].status.Done?
  }

  /** The jobs counted as run are those completed, each once. */
  lemma {:induction false} RanJobsAreDone(rows: map<JobId, DlqJob>, fate: Fate, jobs: seq<JobId>, done: JobId -> bool)
    requires Distinct(jobs)
    requires forall id | id in jobs :: done(id) <==> id in rows && fate.outcome(rows[id].payload).Ran?
    ensures RanJobs(rows, fate, jobs) == |Those(jobs, done)|
  {
    if jobs != [] {
      RanJobsAreDone(rows, fate, jobs[..|jobs| - 1], done);
      OneMoreOfThose(jobs, done, |jobs| - 1);
    }
  }

  lemma DoneAfterBatch(was: Queue, q: Queue, jobs: seq<JobId>, fate: Fate)
    requires Batched(was, q, jobs, fate) && Distinct(jobs)
    ensures RanJobs(was.live, fate, jobs) == |Those(jobs, DoneIn(q.live))|
  {
    forall id | id in jobs
      ensures DoneIn(q.live)(id) <==> id in was.live && fate.outcome(was.live[id].payload).Ran?
    {
      assert Handled(was, q, id, fate);
    }
    RanJobsAreDone(was.live, fate, jobs, DoneIn(q.live));
  }

  lemma ReportsOnJobs(was: Queue, jobs: seq<JobId>, pipeline: string, fate: Fate)
    requires Ready(was, jobs, pipeline)
    ensures forall id | id in jobs :: id in was.live
    ensures var keys := FirstSeen(jobs, PayloadIn(was.live));
            && (RanCount(fate, keys) == 0 <==> forall id | id in jobs :: fate.outcome(was.live[id].payload).Threw?)
            && (LastError(fate, keys).None? <==> forall id | id in jobs :: fate.outcome(was.live[id].payload).Ran?)
  {
    var payload := PayloadIn(was.live);
    KeysOfItems(jobs, payload);
    ReportsOnPayloads(fate, FirstSeen(jobs, payload));
    assert forall id | id in jobs :: IsReady(was, id, pipeline) && payload(id) == was.live[id].payload;
  }

  lemma NothingToDo(q: Queue, fate: Fate)
    ensures Batched(q, q, [], fate)
  {
  }

  /** If every job's dispatch fails, the error is that of the payload first seen last. */
  lemma AllThrew(was: Queue, jobs: seq<JobId>, pipeline: string, fate: Fate)
    requires Ready(was, jobs, pipeline) && jobs != []
    requires RanCount(fate, FirstSeen(jobs, PayloadIn(was.live))) == 0
    ensures var keys := FirstSeen(jobs, PayloadIn(was.live));
            && keys != [] && fate.outcome(keys[|keys| - 1]).Threw?
            && LastError(fate, keys) == Some(fate.outcome(keys[|keys| - 1]).error)
  {
    var keys := FirstSeen(jobs, PayloadIn(was.live));
    ReportsOnPayloads(fate, keys);
    LastErrorIs(fate, keys, |keys| - 1);
  }

  function PipelineIn(rows: map<JobId, DlqJob>): JobId -> string {
    (id: JobId) => if id in rows then rows[id].pipeline else ""
  }

  /** The batch of one pipeline in a poll. */
  function PipelineRun(due: seq<JobId>, rows: map<JobId, DlqJob>, pipeline: string, fates: string -> Fate): Event {
    Run(Selected(due, PipelineIn(rows), pipeline), pipeline, fates(pipeline))
  }

  /** The jobs of all pipelines but the first `g` are as they were. */
  ghost predicate Waiting(was: Queue, q: Queue, due: seq<JobId>, g: nat) {
    var pipelines := FirstSeen(due, PipelineIn(was.live));
    g <= |pipelines| && forall id | id in due && PipelineIn(was.live)(id) !in pipelines[..g] :: Same(was, q, id)
  }

  /** The batch of the k-th pipeline of a poll. */
  ghost predicate RunsKth(
      q: Queue, due: seq<JobId>, rows: map<JobId, DlqJob>, fates: string -> Fate, k: nat, next: Queue)
  {
    && k < |FirstSeen(due, PipelineIn(rows))|
    && Step(q, PipelineRun(due, rows, FirstSeen(due, PipelineIn(rows))[k], fates), next)
  }

  /** Stage k of a poll is the batch of the k-th pipeline. */
  ghost predicate Leads(
      stages: seq<Queue>, due: seq<JobId>, rows: map<JobId, DlqJob>, fates: string -> Fate, k: nat)
  {
    k + 1 < |stages| && RunsKth(stages[k], due, rows, fates, k, stages[k + 1])
  }

  /** The first `g` pipelines of a poll have had their batches. */
  ghost predicate Polled(
      stages: seq<Queue>, was: Queue, q: Queue, due: seq<JobId>, fates: string -> Fate, g: nat)
  {
    && |stages| == g + 1 && stages[0] == was && stages[g] == q && Valid(q) && Waiting(was, q, due, g)
    && forall k | 0 <= k < g :: Leads(stages, due, was.live, fates, k)
  }

  lemma StageStays(
      stages: seq<Queue>, more: seq<Queue>, due: seq<JobId>, rows: map<JobId, DlqJob>, fates: string -> Fate, k: nat)
    requires Leads(stages, due, rows, fates, k)
    requires k + 1 < |more| && more[k] == stages[k] && more[k + 1] == stages[k + 1]
    ensures Leads(more, due, rows, fates, k)
  {
  }

  lemma OneMoreStage(
      stages: seq<Queue>, due: seq<JobId>, rows: map<JobId, DlqJob>, fates: string -> Fate, next: Queue)
    requires stages != []
    requires forall k | 0 <= k < |stages| - 1 :: Leads(stages, due, rows, fates, k)
    requires RunsKth(stages[|stages| - 1], due, rows, fates, |stages| - 1, next)
    ensures forall k | 0 <= k < |stages| :: Leads(stages + [next], due, rows, fates, k)
  {
    var more := stages + [next];
    forall k | 0 <= k < |stages| - 1
      ensures Leads(more, due, rows, fates, k)
    {
      StageStays(stages, more, due, rows, fates, k);
    }
  }

  lemma NextPipeline(was: Queue, q: Queue, due: seq<JobId>, groups: seq<seq<JobId>>, g: nat)
    requires Distinct(due) && Valid(q) && IsGrouping(due, PipelineIn(was.live), groups) && g < |groups|
    requires forall id | id in due :: id in was.live && was.live[id].status.Pending?
    requires Waiting(was, q, due, g)
    ensures Takes(q, groups[g], FirstSeen(due, PipelineIn(was.live))[g])
  {
    GroupFacts(due, PipelineIn(was.live), groups, g);
    forall id | id in groups[g]
      ensures id in q.live && q.live[id].status.Pending?
      ensures q.live[id].pipeline == FirstSeen(due, PipelineIn(was.live))[g]
    {
      assert Same(was, q, id);
    }
  }

  /** The jobs of later pipelines are as they were. */
  lemma OthersWait(was: Queue, q: Queue, after: Queue, due: seq<JobId>, groups: seq<seq<JobId>>, g: nat, fate: Fate)
    requires Distinct(due) && IsGrouping(due, PipelineIn(was.live), groups) && g < |groups|
    requires Batched(q, after, groups[g], fate)
    requires Waiting(was, q, due, g)
    ensures Waiting(was, after, due, g + 1)
  {
    var pipelineOf, pipelines := PipelineIn(was.live), FirstSeen(due, PipelineIn(was.live));
    GroupFacts(due, pipelineOf, groups, g);
    assert pipelines[..g + 1] == pipelines[..g] + [pipelines[g]];
    forall id | id in due && pipelineOf(id) !in pipelines[..g + 1]
      ensures Same(was, after, id)
    {
      assert id !in groups[g];
      assert Same(was, q, id) && Same(q, after, id);
    }
  }

  lemma AfterPipeline(
      was: Queue, q: Queue, after: Queue, due: seq<JobId>, groups: seq<seq<JobId>>, g: nat, fates: string -> Fate)
    requires Distinct(due) && IsGrouping(due, PipelineIn(was.live), groups) && g < |groups|
    requires Takes(q, groups[g], FirstSeen(due, PipelineIn(was.live))[g])
    requires Batched(q, after, groups[g], fates(FirstSeen(due, PipelineIn(was.live))[g]))
    requires Waiting(was, q, due, g)
    ensures Valid(after) && Waiting(was, after, due, g + 1) && RunsKth(q, due, was.live, fates, g, after)
  {
    var pipeline := FirstSeen(due, PipelineIn(was.live))[g];
    BatchKeepsValid(q, after, groups[g], pipeline, fates(pipeline));
    OthersWait(was, q, after, due, groups, g, fates(pipeline));
  }

  class Scheduler {
    var live: map<JobId, DlqJob>
    var archive: map<JobId, ArchivedJob>
    var launched: seq<Launch>
    var nextId: nat
    var flights: map<nat, Flight>
    var cancels: multiset<JobId>

    ghost function State(): Queue
      reads this
    {
      Queue(live, archive, launched, nextId, flights, cancels)
    }

    constructor ()
      ensures State() == NoJobs && Valid(State())
    {
      live, archive, launched, nextId, flights, cancels := map[], map[], [], 0, map[], multiset{};
    }

    /** One more failure of a job: retry it later, or move it to the archive. */
    method HandleJobFailure(id: JobId, error: string, now: int)
      requires id in live && live[id].retryCount >= 0
      modifies this`live, this`archive
      ensures State() == Dlq.Failed(old(State()), id, error, now)
      ensures old(live)[id].retryCount + 1 < old(live)[id].maxRetries ==>
                && id in live && live[id].status.Pending? && live[id].error == Some(error)
                && live[id].retryCount == old(live)[id].retryCount + 1
                && live[id].scheduledAt == now + Backoff(old(live)[id].retryCount + 1)
                && live[id].payload == old(live)[id].payload && archive == old(archive)
      ensures old(live)[id].retryCount + 1 >= old(live)[id].maxRetries ==>
                && id !in live && id in archive && archive[id].error == Some(error)
                && archive[id].retryCount == old(live)[id].retryCount + 1
                && archive[id].payload == old(live)[id].payload && archive[id].pipeline == old(live)[id].pipeline
      ensures forall other | other != id :: (other in live <==> other in old(live))
                                            && (other in live ==> live[other] == old(live)[other])
    {
      var job := live[id];
      job := job.(retryCount := job.retryCount + 1, error := Some(error));
      if job.retryCount >= job.maxRetries {
        archive := archive[id := ArchivedJob(
          job.payload, job.pipeline, job.delayMinutes, job.retryCount, job.maxRetries, job.error)];
        live := live - {id};
      } else {
        live := live[id := job.(scheduledAt := now + Backoff(job.retryCount), status := Pending)];
      }
    }

    /** Create the execution of a group, with the payload of its first job as parameters. */
    method DispatchJobs(pipeline: string, group: seq<JobId>) returns (execution: nat)
      requires group != [] && group[0] in live
      modifies this`launched
      ensures execution == |old(launched)|
      ensures launched == old(launched) + [Launch(pipeline, live[group[0]].payload, group)]
    {
      execution := |launched|;
      launched := launched + [Launch(pipeline, live[group[0]].payload, group)];
    }

    method MarkProcessing(jobs: seq<JobId>)
      requires forall id | id in jobs :: id in live
      modifies this`live
      ensures live.Keys == old(live).Keys
      ensures forall id | id in live ::
                live[id] == if id in jobs then old(live)[id].(status := Processing) else old(live)[id]
    {
      for i := 0 to |jobs|
        invariant live.Keys == old(live).Keys
        invariant forall id | id in live ::
                    live[id] == if id in jobs[..i] then old(live)[id].(status := Processing) else old(live)[id]
      {
        live := live[jobs[i] := live[jobs[i]].(status := Processing)];
      }
    }

    method StartBatch(
        jobs: seq<JobId>, ghost pipeline: string, ghost fate: Fate, ghost payload: JobId -> Payload,
        ghost keys: seq<Payload>)
      requires Ready(State(), jobs, pipeline)
      modifies this`live
      ensures Progress(old(State()), State(), jobs, With(jobs, payload, keys[..0]), fate)
    {
      assert forall id | id in jobs :: IsReady(State(), id, pipeline);
      MarkProcessing(jobs);
      Marked(old(State()), State(), jobs, pipeline, fate, payload, keys);
    }

    /** Every job of a group has failed. */
    method FailGroup(
        ghost was: Queue, ghost jobs: seq<JobId>, ghost handled: set<JobId>, fate: Fate,
        group: seq<JobId>, ghost pipeline: string, error: string)
      requires Progress(was, State(), jobs, handled, fate) && IsNext(was, jobs, handled, group, pipeline)
      requires fate.outcome(was.live[group[0]].payload) == Threw(error)
      modifies this`live, this`archive
      ensures Progress(was, State(), jobs, handled + Members(group), fate)
    {
      ghost var before := handled;
      for i := 0 to |group|
        invariant Progress(was, State(), jobs, before, fate) && before == handled + Members(group[..i])
      {
        OneMoreMember(group, i);
        assert group[i] in Members(group);
        FailProgress(was, State(), jobs, before, fate, group[i]);
        HandleJobFailure(group[i], error, fate.at(group[i]));
        before := before + {group[i]};
      }
      assert group[..|group|] == group;
    }

    /** A group runs in one execution, and its jobs are completed by it. */
    method FinishGroup(
        ghost was: Queue, ghost jobs: seq<JobId>, ghost handled: set<JobId>, ghost fate: Fate,
        group: seq<JobId>, pipeline: string)
      returns (execution: nat)
      requires Progress(was, State(), jobs, handled, fate) && IsNext(was, jobs, handled, group, pipeline)
      requires fate.outcome(was.live[group[0]].payload).Ran?
      modifies this`live, this`launched
      ensures execution == |old(launched)| && |launched| == execution + 1
      ensures Progress(was, State(), jobs, handled + Members(group), fate)
    {
      assert group[0] in group && group[0] in Members(group) && Untried(was, State(), group[0]);
      ghost var launch := Launch(pipeline, was.live[group[0]].payload, group);
      LaunchProgress(was, State(), jobs, handled, fate, launch);
      execution := DispatchJobs(pipeline, group);
      ghost var before := handled;
      for i := 0 to |group|
        invariant launched == old(launched) + [launch] && State() == old(State()).(live := live, launched := launched)
        invariant Progress(was, State(), jobs, before, fate) && before == handled + Members(group[..i])
      {
        OneMoreMember(group, i);
        assert group[i] in Members(group);
        FinishProgress(was, State(), jobs, before, fate, group[i], execution);
        live := live[group[i] := live[group[i]].(status := Done, execution := Some(execution))];
        before := before + {group[i]};
      }
      assert group[..|group|] == group;
    }

    /** One group: create its execution, or have its jobs fail. */
    method RunGroup(
        ghost was: Queue, ghost jobs: seq<JobId>, fate: Fate, groups: seq<seq<JobId>>, g: nat,
        payload: JobId -> Payload, pipeline: string)
      returns (execution: Option<nat>, error: Option<string>)
      requires Ready(was, jobs, pipeline) && payload == PayloadIn(was.live)
      requires IsGrouping(jobs, payload, groups) && g < |groups|
      requires Progress(was, State(), jobs, With(jobs, payload, FirstSeen(jobs, payload)[..g]), fate)
      modifies this`live, this`archive, this`launched
      ensures Progress(was, State(), jobs, With(jobs, payload, FirstSeen(jobs, payload)[..g + 1]), fate)
      ensures match fate.outcome(FirstSeen(jobs, payload)[g])
              case Ran => execution == Some(|old(launched)|) && error == None && |launched| == |old(launched)| + 1
              case Threw(message) => execution == None && error == Some(message) && |launched| == |old(launched)|
    {
      NextGroup(was, jobs, pipeline, groups, g);
      WithOneMore(jobs, payload, groups, g);
      ghost var handled := With(jobs, payload, FirstSeen(jobs, payload)[..g]);
      execution, error := None, None;
      match fate.outcome(payload(groups[g][0])) {
        case Threw(message) =>
          error := Some(message);
          FailGroup(was, jobs, handled, fate, groups[g], pipeline, message);
        case Ran =>
          var e := FinishGroup(was, jobs, handled, fate, groups[g], pipeline);
          execution := Some(e);
      }
    }

    /**
      The jobs of one pipeline, a group for each payload. A group that cannot be dispatched fails
      job by job, and the others still run.
     */
    method RunGroups(jobs: seq<JobId>, pipeline: string, fate: Fate)
      returns (executions: seq<nat>, lastError: Option<string>)
      requires Ready(State(), jobs, pipeline)
      modifies this
      ensures Batched(old(State()), State(), jobs, fate)
      ensures |executions| == RanCount(fate, FirstSeen(jobs, PayloadIn(old(live))))
      ensures var keys := FirstSeen(jobs, PayloadIn(old(live)));
              |executions| == |Those(keys, (k: Payload) => fate.outcome(k).Ran?)|
      ensures |launched| == |old(launched)| + |executions|
      ensures forall i | 0 <= i < |executions| :: executions[i] == |old(launched)| + i
      ensures lastError == LastError(fate, FirstSeen(jobs, PayloadIn(old(live))))
    {
      ghost var was := State();
      var payload := PayloadIn(live);
      var groups := GroupBy(jobs, payload);
      ghost var keys := FirstSeen(jobs, payload);
      StartBatch(jobs, pipeline, fate, payload, keys);
      executions, lastError := [], None;
      for g := 0 to |groups|
        invariant Progress(was, State(), jobs, With(jobs, payload, keys[..g]), fate)
        invariant |launched| == |was.launched| + |executions| && |executions| == RanCount(fate, keys[..g])
        invariant forall i | 0 <= i < |executions| :: executions[i] == |was.launched| + i
        invariant lastError == LastError(fate, keys[..g])
      {
        OneMoreKey(fate, keys, g);
        var execution, error := RunGroup(was, jobs, fate, groups, g, payload, pipeline);
        if error.Some? {
          lastError := error;
        } else {
          executions := executions + [execution.value];
        }
      }
      assert keys[..|groups|] == keys;
      AllGroupsHandled(was, State(), jobs, pipeline, fate);
      FirstSeenDistinct(jobs, payload);
      RanCountIs(fate, keys);
    }

    /**
      Run a pipeline's pending jobs now, as far as no other manager has locked them. An error is
      raised only if no group ran; otherwise the caller learns how many jobs did, and in what.
     */
    method ProcessPipelineImmediately(jobs: seq<JobId>, pipeline: string, fate: Fate) returns (result: Dispatch)
      requires Takes(State(), jobs, pipeline)
      modifies this
      ensures Step(old(State()), Run(jobs, pipeline, fate), State())
      ensures result.Raised? <==> jobs != [] && forall id | id in jobs :: fate.outcome(old(live)[id].payload).Threw?
      ensures result.Raised? ==>
                var keys := FirstSeen(jobs, PayloadIn(old(live)));
                keys != [] && fate.outcome(keys[|keys| - 1]) == Threw(result.error)
      ensures result.Dispatched? ==>
                && result.count == RanJobs(old(live), fate, jobs) == |Those(jobs, DoneIn(live))|
                && |result.executions| == |launched| - |old(launched)|
                && forall i | 0 <= i < |result.executions| :: result.executions[i] == |old(launched)| + i
    {
      if jobs == [] {
        NothingToDo(State(), fate);
        return Dispatched(0, []);
      }
      ghost var was := State();
      TakesReady(was, jobs, pipeline);
      var executions, lastError := RunGroups(jobs, pipeline, fate);
      ReportsOnJobs(was, jobs, pipeline, fate);
      if lastError.Some? && executions == [] {
        AllThrew(was, jobs, pipeline, fate);
        return Raised(lastError.value);
      }
      var count := CountCompleted(was, jobs, fate);
      DoneAfterBatch(was, State(), jobs, fate);
      result := Dispatched(count, executions);
    }

    method CountCompleted(ghost was: Queue, jobs: seq<JobId>, ghost fate: Fate) returns (count: nat)
      requires Batched(was, State(), jobs, fate)
      ensures count == RanJobs(was.live, fate, jobs)
    {
      count := 0;
      for i := 0 to |jobs|
        invariant count == RanJobs(was.live, fate, jobs[..i])
      {
        assert jobs[..i + 1][..i] == jobs[..i];
        assert Handled(was, State(), jobs[i], fate);
        if jobs[i] in live && live[jobs[i]].status.Done? {
          count := count + 1;
        }
      }
      assert jobs[..|jobs|] == jobs;
    }

    /**
      Run one pending job now, while its row is locked. If that fails, the transaction is rolled back:
      the queue is as it was and the row unlocked, with the failure still to be read and written.
     */
    method ProcessJobImmediately(id: JobId, outcome: Outcome, ticket: nat) returns (result: OneDispatch)
      requires Valid(State()) && ticket !in flights
      modifies this`live, this`launched, this`flights
      ensures result.NotFound? <==> id !in old(live)
      ensures result.NotPending? <==> id in old(live) && !old(live)[id].status.Pending?
      ensures result.NotFound? || result.NotPending? ==> State() == old(State())
      ensures result.RanIn? ==> id in live && live[id].status.Done? && |launched| == |old(launched)| + 1
      ensures result.Failed? ==> live == old(live) && archive == old(archive) && launched == old(launched)
      ensures result.RanIn? ==>
                && outcome.Ran? && id in live && live[id].execution == Some(result.execution)
                && Step(old(State()), Run([id], old(live)[id].pipeline, Alone(outcome, 0)), State())
      ensures result.Failed? ==> outcome == Threw(result.error) && Step(old(State()), NowFails(ticket, id), State())
    {
      if id !in live {
        return NotFound;
      }
      if !live[id].status.Pending? {
        return NotPending;
      }
      var job := live[id];
      live := live[id := job.(status := Processing)];
      match outcome {
        case Ran =>
          var execution := DispatchJobs(job.pipeline, [id]);
          live := live[id := live[id].(status := Done, execution := Some(execution))];
          OneJobBatch(old(State()), State(), id, outcome, 0);
          result := RanIn(execution);
        case Threw(error) =>
          live := live[id := job];
          flights := flights[ticket := Flight(id, None)];
          result := OneDispatch.Failed(error);
      }
    }

    /** The handler of a manual failure reads the row again, which nothing locks. */
    method ReadFailedJob(ticket: nat)
      requires ticket in flights && flights[ticket].read.None?
      modifies this`flights
      ensures Step(old(State()), NowReads(ticket), State())
      ensures live == old(live) && archive == old(archive)
      ensures var id := old(flights)[ticket].id;
              if id in live then flights == old(flights)[ticket := Flight(id, Some(live[id]))]
              else ticket !in flights
    {
      var id := flights[ticket].id;
      if id in live {
        flights := flights[ticket := Flight(id, Some(live[id]))];
      } else {
        flights := flights - {ticket};
      }
    }

    /** It then writes the failure: the columns whose values it changed, or the move to the archive. */
    method WriteFailure(ticket: nat, error: string, now: int)
      requires Valid(State()) && ticket in flights && flights[ticket].read.Some?
      modifies this`live, this`archive, this`flights
      ensures Step(old(State()), NowWrites(ticket, error, now), State())
      ensures var id, read := old(flights)[ticket].id, old(flights)[ticket].read.value;
              && ticket !in flights
              && (id !in old(live) ==> live == old(live) && archive == old(archive))
              && (id in old(live) && read.retryCount + 1 >= read.maxRetries ==> id !in live && id in archive)
              && (id in old(live) && read.retryCount + 1 < read.maxRetries ==>
                    && id in live && live[id].retryCount == read.retryCount + 1
                    && live[id].status == (if read.status.Pending? then old(live)[id].status else Pending))
    {
      assert FlightFits(State(), flights[ticket]);
      var id, read := flights[ticket].id, flights[ticket].read.value;
      flights := flights - {ticket};
      if id in live {
        var job := read.(retryCount := read.retryCount + 1, error := Some(error));
        if job.retryCount >= job.maxRetries {
          archive := archive[id := ArchivedJob(
            job.payload, job.pipeline, job.delayMinutes, job.retryCount, job.maxRetries, job.error)];
          live := live - {id};
        } else {
          var row := live[id].(retryCount := job.retryCount, scheduledAt := now + Backoff(job.retryCount));
          row := if job.error == read.error then row else row.(error := job.error);
          row := if read.status.Pending? then row else row.(status := Pending);
          live := live[id := row];
        }
      }
    }

    /** The handler of a cancellation reads the job and refuses one that is not pending. */
    method CancelJob(id: JobId) returns (ok: bool)
      modifies this`cancels
      ensures ok <==> id in live && live[id].status.Pending?
      ensures if ok then Step(old(State()), CancelReads(id), State()) else State() == old(State())
    {
      ok := id in live && live[id].status.Pending?;
      if ok {
        cancels := cancels + multiset{id};
      }
    }

    /** It then writes the status, whatever the job's status is by then. */
    method WriteCancellation(id: JobId)
      requires id in cancels
      modifies this`live, this`cancels
      ensures Step(old(State()), CancelWrites(id), State())
      ensures id in live <==> id in old(live)
      ensures id in live ==> live[id] == old(live)[id].(status := Cancelled)
    {
      cancels := cancels - multiset{id};
      if id in live {
        live := live[id := live[id].(status := Cancelled)];
      }
    }

    method ScheduleJob(payload: Payload, pipeline: string, delay: int, maxRetries: int, now: int) returns (id: JobId)
      requires maxRetries >= 1
      modifies this`live, this`nextId
      ensures id == old(nextId) && Step(old(State()), Schedule(payload, pipeline, delay, maxRetries, now), State())
      ensures id in live && live[id].status.Pending? && live[id].scheduledAt == now + delay
      ensures live[id].retryCount == 0 && live[id].maxRetries == maxRetries
      ensures live[id].payload == payload && live[id].pipeline == pipeline && nextId == old(nextId) + 1
    {
      id := nextId;
      live := live[id := DlqJob(payload, pipeline, now + delay, delay, Pending, 0, maxRetries, None, None)];
      nextId := nextId + 1;
    }

    method RunPipeline(
        ghost was: Queue, ghost due: seq<JobId>, groups: seq<seq<JobId>>, g: nat, pipelineOf: JobId -> string,
        fates: string -> Fate)
      requires pipelineOf == PipelineIn(was.live) && Distinct(due) && Valid(State())
      requires IsGrouping(due, pipelineOf, groups) && g < |groups|
      requires forall id | id in due :: id in was.live && was.live[id].status.Pending?
      requires Waiting(was, State(), due, g)
      modifies this
      ensures Valid(State()) && Waiting(was, State(), due, g + 1)
      ensures RunsKth(old(State()), due, was.live, fates, g, State())
    {
      GroupFacts(due, pipelineOf, groups, g);
      assert groups[g][0] in groups[g];
      var pipeline := pipelineOf(groups[g][0]);
      NextPipeline(was, State(), due, groups, g);
      TakesReady(State(), groups[g], pipeline);
      var _, _ := RunGroups(groups[g], pipeline, fates(pipeline));
      AfterPipeline(was, old(State()), State(), due, groups, g, fates);
    }

    method RunNext(
        ghost stages: seq<Queue>, ghost was: Queue, ghost due: seq<JobId>, groups: seq<seq<JobId>>, g: nat,
        pipelineOf: JobId -> string, fates: string -> Fate)
      returns (ghost more: seq<Queue>)
      requires pipelineOf == PipelineIn(was.live) && Distinct(due)
      requires IsGrouping(due, pipelineOf, groups) && g < |groups|
      requires forall id | id in due :: id in was.live && was.live[id].status.Pending?
      requires Polled(stages, was, State(), due, fates, g)
      modifies this
      ensures Polled(more, was, State(), due, fates, g + 1)
    {
      RunPipeline(was, due, groups, g, pipelineOf, fates);
      OneMoreStage(stages, due, was.live, fates, State());
      more := stages + [State()];
    }

    /**
      The poll: the due jobs it could lock, pipeline by pipeline. It amounts to one batch for each
      pipeline, in the order the pipelines are first seen, and each due job is in the batch of its own.
     */
    method PollAndProcess(due: seq<JobId>, now: int, fates: string -> Fate) returns (ghost stages: seq<Queue>)
      requires Valid(State()) && Distinct(due)
      requires forall id | id in due :: id in live && live[id].status.Pending? && live[id].scheduledAt <= now
      modifies this
      ensures var pipelines := FirstSeen(due, PipelineIn(old(live)));
              && |stages| == |pipelines| + 1 && stages[0] == old(State()) && stages[|pipelines|] == State()
              && forall k | 0 <= k < |pipelines| :: Leads(stages, due, old(live), fates, k)
    {
      ghost var was := State();
      var pipelineOf := PipelineIn(live);
      var groups := GroupBy(due, pipelineOf);
      ghost var pipelines := FirstSeen(due, pipelineOf);
      stages := [State()];
      for g := 0 to |groups|
        invariant Polled(stages, was, State(), due, fates, g)
      {
        stages := RunNext(stages, was, due, groups, g, pipelineOf, fates);
      }
      assert pipelines[..|groups|] == pipelines;
    }
  }
}
